/**
 * The module-level state of src/system.ts and the functions that change it:
 * the active-tracker stack and its pause, the effect pause counter and its
 * queue, the token-to-links table `depsMap`, `track`, `cleanupDepEffect`,
 * `trigger`, and the body of the finalizer that purges a collected token.
 *
 * The callbacks `tracker.spread()` and `tracker.effect()` are not modelled;
 * each invocation is appended to the ghost log `calls` instead.
 */
module ReactiveSystem {
  import opened DirtyLevels
  import opened Sequences
  import opened Propagation
  import opened Deps

  /**
   * The token a tracker without one is given (src/system.ts:54-58): an
   * effect tracker is its own token, a plain tracker gets a weak reference.
   */
  function TokenFor(t: Tracker): TrackToken
  {
    if t.hasEffect then Itself(t) else WeakRefTo(t)
  }

  /** The slot the link list holds at `k`, or `None` (`undefined`) past its end. */
  function SlotAt(links: seq<Dep>, k: nat): Option<Dep>
  {
    if k < |links| then Some(links[k]) else None
  }

  /** `deps[k] = d` on a JavaScript array, for an index at most one past its end. */
  function SetSlot(links: seq<Dep>, k: nat, d: Dep): (r: seq<Dep>)
    requires k <= |links|
    ensures |r| == if k == |links| then |links| + 1 else |links|
    ensures r[k] == d
    ensures forall i :: 0 <= i < |links| && i != k ==> r[i] == links[i]
  {
    if k == |links| then links + [d] else links[k := d]
  }

  /** The trackers the keys of a `Dep` lead to. */
  ghost function Targets(keys: seq<TrackToken>): set<Tracker>
  {
    set i | 0 <= i < |keys| :: keys[i].target
  }

  /** The trackers the keys lead to that are still alive. */
  ghost function LiveTargets(keys: seq<TrackToken>): set<Tracker>
    reads Targets(keys)`alive
  {
    set t | t in Targets(keys) && t.alive
  }

  /**
   * The trackers the keys lead to whose dereference succeeds (those in
   * `live`), in key order: what `trigger` visits.
   */
  function LiveOrder(keys: seq<TrackToken>, live: set<Tracker>): (r: seq<Tracker>)
    ensures forall i :: 0 <= i < |r| ==> r[i] in live
    decreases |keys|
  {
    if keys == [] then []
    else
      var t := keys[|keys| - 1].target;
      LiveOrder(keys[..|keys| - 1], live) + if t in live then [t] else []
  }

  /** Visiting one more key appends its tracker when it is live. */
  lemma LiveOrderStep(keys: seq<TrackToken>, i: nat, live: set<Tracker>)
    requires i < |keys|
    ensures LiveOrder(keys[..i + 1], live) ==
      LiveOrder(keys[..i], live) + if keys[i].target in live then [keys[i].target] else []
  {
    assert keys[..i + 1][..i] == keys[..i];
  }

  /** A tracker is visited exactly when a key leads to it and it is live. */
  lemma {:induction false} LiveOrderMembers(keys: seq<TrackToken>, live: set<Tracker>)
    ensures forall t :: t in LiveOrder(keys, live) <==> t in live && t in Targets(keys)
  {
    if keys != [] {
      var p := keys[..|keys| - 1];
      LiveOrderMembers(p, live);
      assert keys == p + [keys[|keys| - 1]];
      forall t ensures t in Targets(keys) <==> t in Targets(p) || t == keys[|keys| - 1].target {
        if t in Targets(keys) {
          var i :| 0 <= i < |keys| && keys[i].target == t;
          if i < |p| {
            assert p[i] == keys[i];
          }
        }
        if t in Targets(p) {
          var i :| 0 <= i < |p| && p[i].target == t;
          assert keys[i] == p[i];
        }
      }
    }
  }

  /**
   * The dirty level a wave over the keys leaves each tracker at: the
   * requested level when it is live and the guard holds, else its own.
   */
  lemma VisitedLevels(keys: seq<TrackToken>, st: map<Tracker, TrackerState>, live: set<Tracker>,
                      level: DirtyLevel)
    requires st.Keys == Targets(keys) && live <= Targets(keys)
    ensures forall t | t in st :: (Wave(LiveOrder(keys, live), st, level).states[t].dirtyLevel ==
      if t in live && Raises(st[t], level) then level else st[t].dirtyLevel)
  {
    WaveFinalState(LiveOrder(keys, live), st, level);
    LiveOrderMembers(keys, live);
  }

  /** The fields of a tracker that `trigger` reads or writes, as a value. */
  function StateOf(t: Tracker): TrackerState
    reads t
  {
    TrackerState(t.dirtyLevel, t.runnings, t.queryings, t.hasEffect)
  }

  /** The trigger-relevant state of every tracker the keys lead to. */
  ghost function TargetStates(keys: seq<TrackToken>): map<Tracker, TrackerState>
    reads Targets(keys)
  {
    map t | t in Targets(keys) :: StateOf(t)
  }

  /** What a `trigger(dep, level)` wave does, decided on the current state. */
  ghost function Pending(dep: Dep, level: DirtyLevel): WaveResult<Tracker>
    reads dep, Targets(dep.keys)
  {
    Wave(LiveOrder(dep.keys, LiveTargets(dep.keys)), TargetStates(dep.keys), level)
  }

  /**
   * `cleanupDepEffect(dep, tracker)` (src/system.ts:81-86): the tracker's
   * entry, keyed by the tracker itself, is deleted exactly when one is
   * recorded and its id differs from the tracker's current `trackId`.
   */
  method CleanupDepEffect(dep: Dep, tracker: Tracker)
    modifies dep
    ensures var key := Itself(tracker);
      if key in old(dep.ids) && old(dep.ids)[key] != tracker.trackId then
        dep.ids == old(dep.ids) - {key} && dep.keys == Without(old(dep.keys), key)
      else
        dep.ids == old(dep.ids) && dep.keys == old(dep.keys)
    ensures old(dep.Valid()) ==> dep.Valid()
  {
    var trackId := dep.Get(Itself(tracker));
    if trackId.Some? && tracker.trackId != trackId.value {
      dep.Delete(Itself(tracker));
    }
  }

  /** `for (const dep of deps) dep.delete(token)` (src/system.ts:43-45). */
  method DeleteFromEach(deps: seq<Dep>, token: TrackToken)
    modifies deps
    ensures forall d | d in deps ::
      d.ids == old(d.ids) - {token} && d.keys == Without(old(d.keys), token)
    ensures forall d | d in deps :: old(d.Valid()) ==> d.Valid()
  {
    ghost var done: set<Dep> := {};
    for i := 0 to |deps|
      invariant forall j | 0 <= j < i :: deps[j] in done
      invariant forall d | d in deps && d in done ::
        d.ids == old(d.ids) - {token} && d.keys == Without(old(d.keys), token)
      invariant forall d | d in deps && d !in done ::
        d.ids == old(d.ids) && d.keys == old(d.keys)
    {
      var d := deps[i];
      WithoutIdempotent(old(d.keys), token);
      d.Delete(token);
      done := done + {d};
    }
    forall d | d in deps && old(d.Valid()) ensures d.Valid() {
      DeleteKeepsConsistent(old(d.keys), old(d.ids), token);
    }
  }

  class System {
    /** The stack of running trackers; the last one is reading. */
    var activeTrackers: seq<Tracker>
    var pauseEffectStack: int
    /** Stacks hidden by `pauseTracking`, innermost pause last. */
    var pausedTrackers: seq<seq<Tracker>>
    /** Effect trackers waiting for the effect pause to end, first in first out. */
    var pausedEffects: seq<Tracker>
    /** For each token, the `Dep`s its tracker read, slot by slot. */
    var depsMap: map<TrackToken, seq<Dep>>
    /** The callbacks invoked so far, in order. */
    ghost var calls: seq<Callback<Tracker>>

    /** Every queued tracker has the `effect` callback the drain invokes. */
    ghost predicate Valid()
      reads this
    {
      forall i | 0 <= i < |pausedEffects| :: pausedEffects[i].hasEffect
    }

    /** The state when the module is loaded (src/system.ts:11-16, 38). */
    constructor ()
      ensures Valid()
      ensures activeTrackers == [] && pausedTrackers == [] && pausedEffects == []
      ensures pauseEffectStack == 0 && depsMap == map[] && calls == []
    {
      activeTrackers, pausedTrackers, pausedEffects := [], [], [];
      pauseEffectStack, depsMap, calls := 0, map[], [];
    }

    /** `pauseTracking`: save the whole stack and continue with an empty one. */
    method PauseTracking()
      modifies this`activeTrackers, this`pausedTrackers
      ensures pausedTrackers == old(pausedTrackers) + [old(activeTrackers)]
      ensures activeTrackers == []
    {
      pausedTrackers := pausedTrackers + [activeTrackers];
      activeTrackers := [];
    }

    /** `resetTracking`: restore the most recently saved stack. */
    method ResetTracking()
      requires |pausedTrackers| > 0
      modifies this`activeTrackers, this`pausedTrackers
      ensures activeTrackers == old(pausedTrackers[|pausedTrackers| - 1])
      ensures pausedTrackers == old(pausedTrackers[..|pausedTrackers| - 1])
    {
      activeTrackers := pausedTrackers[|pausedTrackers| - 1];
      pausedTrackers := pausedTrackers[..|pausedTrackers| - 1];
    }

    /** `pauseEffect`. */
    method PauseEffect()
      modifies this`pauseEffectStack
      ensures pauseEffectStack == old(pauseEffectStack) + 1
    {
      pauseEffectStack := pauseEffectStack + 1;
    }

    /**
     * `resetEffect`: lower the counter; when it is then zero, run every
     * queued tracker's effect in queue order until the queue is empty,
     * otherwise leave the queue as it is.
     */
    method ResetEffect()
      requires Valid()
      modifies this`pauseEffectStack, this`pausedEffects, this`calls
      ensures Valid()
      ensures pauseEffectStack == old(pauseEffectStack) - 1
      ensures pauseEffectStack == 0 ==>
        pausedEffects == [] && calls == old(calls) + EffectCalls(old(pausedEffects))
      ensures pauseEffectStack != 0 ==>
        pausedEffects == old(pausedEffects) && calls == old(calls)
    {
      pauseEffectStack := pauseEffectStack - 1;
      ghost var drained := 0;
      while pauseEffectStack == 0 && |pausedEffects| > 0
        invariant Valid()
        invariant pauseEffectStack == old(pauseEffectStack) - 1
        invariant 0 <= drained <= |old(pausedEffects)|
        invariant pausedEffects == old(pausedEffects)[drained..]
        invariant calls == old(calls) + EffectCalls(old(pausedEffects)[..drained])
        invariant drained > 0 ==> pauseEffectStack == 0
        decreases |pausedEffects|
      {
        var tracker := pausedEffects[0];
        pausedEffects := pausedEffects[1..];
        calls := calls + [Effect(tracker)];
        assert old(pausedEffects)[..drained + 1] == old(pausedEffects)[..drained] + [tracker];
        drained := drained + 1;
      }
      assert drained == |old(pausedEffects)| ==> old(pausedEffects)[..drained] == old(pausedEffects);
    }

    /** The `Dep`s recorded for `token`, or none when `depsMap` has no entry. */
    ghost function Links(token: TrackToken): seq<Dep>
      reads this
    {
      if token in depsMap then depsMap[token] else []
    }

    /**
     * The finalizer callback body (src/system.ts:40-48), called explicitly
     * with the collected tracker's token: delete the token from every
     * recorded `Dep` and empty the recorded list; nothing when no list exists.
     */
    method Purge(token: TrackToken)
      modifies this`depsMap, Links(token)
      ensures token !in old(depsMap) ==> depsMap == old(depsMap)
      ensures token in old(depsMap) ==> depsMap == old(depsMap)[token := []]
      ensures forall d | d in old(Links(token)) ::
        d.ids == old(d.ids) - {token} && d.keys == Without(old(d.keys), token)
      ensures forall d | d in old(Links(token)) :: old(d.Valid()) ==> d.Valid()
    {
      if token in depsMap {
        DeleteFromEach(depsMap[token], token);
        depsMap := depsMap[token := []];
      }
    }

    /** The reading tracker, the top of the stack, as a set (empty when none runs). */
    ghost function Reader(): set<Tracker>
      reads this
    {
      if |activeTrackers| == 0 then {} else {activeTrackers[|activeTrackers| - 1]}
    }

    /** The `Dep` in the reader's slot `depsLength`, which a `track` may evict. */
    ghost function Evictable(): set<Dep>
      reads this, Reader()
    {
      if |activeTrackers| == 0 then {}
      else
        var t := activeTrackers[|activeTrackers| - 1];
        if t.trackToken.Some? && t.trackToken.value in depsMap && t.depsLength < |depsMap[t.trackToken.value]|
        then {depsMap[t.trackToken.value][t.depsLength]}
        else {}
    }

    /**
     * The reader's link index is at most one past the end of its link list
     * (and 0 before it has one): the slot `track` writes exists or is the
     * next one.
     */
    ghost predicate ReaderLinksInRange()
      reads this, Reader()
    {
      |activeTrackers| > 0 ==>
        var t := activeTrackers[|activeTrackers| - 1];
        && (t.trackToken.None? ==> t.depsLength == 0)
        && (t.trackToken.Some? && t.trackToken.value in depsMap ==>
              t.depsLength <= |depsMap[t.trackToken.value]|)
    }

    /**
     * `track(dep)` (src/system.ts:50-79): with no running tracker nothing
     * happens.  Otherwise the top tracker gets its token and an empty link
     * list if it has none; then, unless `dep` already maps the tracker to
     * its current `trackId` (a repeated read in this run, which changes
     * nothing), `dep` maps it to that id and slot `depsLength` of the link
     * list becomes `dep`, its previous occupant, if another `Dep`, going
     * through `cleanupDepEffect`, and `depsLength` advances by one.
     */
    method Track(dep: Dep)
      requires ReaderLinksInRange()
      modifies this`depsMap, dep, Evictable(), Reader()`trackToken, Reader()`depsLength
      ensures |activeTrackers| == 0 ==>
        depsMap == old(depsMap) && dep.ids == old(dep.ids) && dep.keys == old(dep.keys)
      ensures |activeTrackers| > 0 ==>
        var t := activeTrackers[|activeTrackers| - 1];
        var token := if old(t.trackToken).Some? then old(t.trackToken).value else TokenFor(t);
        var base := if old(t.trackToken).Some? then old(depsMap) else old(depsMap)[token := []];
        var key := Itself(t);
        && t.trackToken == Some(token)
        && (token !in base || old(dep.Get(key)) == Some(t.trackId) ==>
              && depsMap == base && t.depsLength == old(t.depsLength)
              && dep.ids == old(dep.ids) && dep.keys == old(dep.keys)
              && (forall e | e in old(Evictable()) :: e.ids == old(e.ids) && e.keys == old(e.keys)))
        && (token in base ==> dep.Get(key) == Some(t.trackId))
        && (token in base && old(dep.Get(key)) != Some(t.trackId) ==>
              var k := old(t.depsLength);
              var evicted := SlotAt(base[token], k);
              && k <= |base[token]|
              && dep.ids == old(dep.ids)[key := t.trackId]
              && dep.keys == (if key in old(dep.ids) then old(dep.keys) else old(dep.keys) + [key])
              && t.depsLength == k + 1
              && depsMap == base[token := SetSlot(base[token], k, dep)]
              && (evicted.Some? && evicted.value != dep ==>
                    var e := evicted.value;
                    if key in old(e.ids) && old(e.ids)[key] != t.trackId then
                      e.ids == old(e.ids) - {key} && e.keys == Without(old(e.keys), key)
                    else
                      e.ids == old(e.ids) && e.keys == old(e.keys)))
      ensures ReaderLinksInRange()
      ensures old(dep.Valid()) ==> dep.Valid()
      ensures forall e | e in old(Evictable()) :: old(e.Valid()) ==> e.Valid()
    {
      if |activeTrackers| > 0 {
        var tracker := activeTrackers[|activeTrackers| - 1];
        if tracker.trackToken.None? {
          tracker.trackToken := Some(TokenFor(tracker));
          depsMap := depsMap[tracker.trackToken.value := []];
        }
        var trackToken := tracker.trackToken.value;
        if trackToken in depsMap {
          var deps := depsMap[trackToken];
          if dep.Get(Itself(tracker)) != Some(tracker.trackId) {
            dep.Set(Itself(tracker), tracker.trackId);
            var oldDep := SlotAt(deps, tracker.depsLength);
            if oldDep != Some(dep) {
              if oldDep.Some? {
                CleanupDepEffect(oldDep.value, tracker);
              }
              depsMap := depsMap[trackToken := SetSlot(deps, tracker.depsLength, dep)];
              tracker.depsLength := tracker.depsLength + 1;
            } else {
              assert SetSlot(deps, tracker.depsLength, dep) == deps;
              tracker.depsLength := tracker.depsLength + 1;
            }
          }
        }
      }
    }

    /** Every `Dep` in the reader's link list. */
    ghost function ReaderLinks(): set<Dep>
      reads this, Reader()
    {
      if |activeTrackers| == 0 then {}
      else
        var t := activeTrackers[|activeTrackers| - 1];
        if t.trackToken.Some? && t.trackToken.value in depsMap
        then set d | d in depsMap[t.trackToken.value]
        else {}
    }

    /**
     * A read while tracking is paused is attributed to no tracker, and the
     * reset restores exactly the stack that was running.
     */
    method ReadWhilePaused(dep: Dep)
      modifies this`activeTrackers, this`pausedTrackers, this`depsMap, dep
      ensures activeTrackers == old(activeTrackers) && pausedTrackers == old(pausedTrackers)
      ensures depsMap == old(depsMap) && dep.ids == old(dep.ids) && dep.keys == old(dep.keys)
    {
      PauseTracking();
      Track(dep);
      ResetTracking();
    }

    /**
     * A read of a `Dep` that already maps the reader to its current
     * `trackId` (src/system.ts:65) changes nothing at all: not the link
     * table, not the reader, not `dep` and not the `Dep` in the reader's
     * next slot.
     */
    method ReadAgain(dep: Dep)
      requires ReaderLinksInRange()
      requires |activeTrackers| > 0
      requires var t := activeTrackers[|activeTrackers| - 1];
        && t.trackToken.Some?
        && (t.trackToken.value in depsMap ==> dep.Get(Itself(t)) == Some(t.trackId))
      modifies this`depsMap, dep, Evictable(), Reader()`trackToken, Reader()`depsLength
      ensures depsMap == old(depsMap)
      ensures var t := activeTrackers[|activeTrackers| - 1];
        t.trackToken == old(t.trackToken) && t.depsLength == old(t.depsLength)
      ensures dep.ids == old(dep.ids) && dep.keys == old(dep.keys)
      ensures forall e | e in old(Evictable()) :: e.ids == old(e.ids) && e.keys == old(e.keys)
    {
      Track(dep);
    }

    /**
     * Two reads of the same `Dep` in one run are one read: the outcome,
     * stated on the state before both, is exactly that of a single `Track`.
     */
    method ReadTwice(dep: Dep)
      requires ReaderLinksInRange()
      requires |activeTrackers| > 0
      modifies this`depsMap, dep, ReaderLinks(), Reader()`trackToken, Reader()`depsLength
      ensures var t := activeTrackers[|activeTrackers| - 1];
        var token := if old(t.trackToken).Some? then old(t.trackToken).value else TokenFor(t);
        var base := if old(t.trackToken).Some? then old(depsMap) else old(depsMap)[token := []];
        var key := Itself(t);
        && t.trackToken == Some(token)
        && (token !in base || old(dep.Get(key)) == Some(t.trackId) ==>
              && depsMap == base && t.depsLength == old(t.depsLength)
              && dep.ids == old(dep.ids) && dep.keys == old(dep.keys)
              && (forall e | e in old(Evictable()) :: e.ids == old(e.ids) && e.keys == old(e.keys)))
        && (token in base ==> dep.Get(key) == Some(t.trackId))
        && (token in base && old(dep.Get(key)) != Some(t.trackId) ==>
              var k := old(t.depsLength);
              var evicted := SlotAt(base[token], k);
              && dep.ids == old(dep.ids)[key := t.trackId]
              && dep.keys == (if key in old(dep.ids) then old(dep.keys) else old(dep.keys) + [key])
              && t.depsLength == k + 1
              && depsMap == base[token := SetSlot(base[token], k, dep)]
              && (evicted.Some? && evicted.value != dep ==>
                    var e := evicted.value;
                    if key in old(e.ids) && old(e.ids)[key] != t.trackId then
                      e.ids == old(e.ids) - {key} && e.keys == Without(old(e.keys), key)
                    else
                      e.ids == old(e.ids) && e.keys == old(e.keys)))
      ensures forall e | e in old(ReaderLinks()) && e !in old(Evictable()) && e != dep ::
        e.ids == old(e.ids) && e.keys == old(e.keys)
    {
      Track(dep);
      ReadAgain(dep);
    }

    /**
     * The purge deletes the token, while `track` keys a `Dep` by the
     * tracker itself: after a plain tracker's first read, purging its weak
     * token empties its link list but leaves its entry in the `Dep`.
     */
    method FirstReadThenPurge(dep: Dep)
      requires |activeTrackers| > 0
      requires var t := activeTrackers[|activeTrackers| - 1];
        !t.hasEffect && t.trackToken.None? && t.depsLength == 0
      modifies this`depsMap, dep, Reader()`trackToken, Reader()`depsLength
      ensures var t := activeTrackers[|activeTrackers| - 1];
        && t.trackToken == Some(WeakRefTo(t))
        && depsMap == old(depsMap)[WeakRefTo(t) := []]
        && dep.Get(Itself(t)) == Some(t.trackId)
    {
      var t := activeTrackers[|activeTrackers| - 1];
      Track(dep);
      Purge(WeakRefTo(t));
    }

    /**
     * The body of the loop of `trigger` for a live tracker
     * (src/system.ts:95-110), ghost-tracking the wave `w` so far.
     */
    method VisitLive(tracker: Tracker, level: DirtyLevel, ghost st: map<Tracker, TrackerState>,
                     ghost w: WaveResult<Tracker>, ghost queue0: seq<Tracker>,
                     ghost calls0: seq<Callback<Tracker>>) returns (ghost w': WaveResult<Tracker>)
      requires Valid()
      requires tracker in st && w.states.Keys == st.Keys
      requires forall t | t in st :: StateOf(t) == w.states[t]
      requires pausedEffects == queue0 + w.queued && calls == calls0 + w.log
      modifies this`pausedEffects, this`calls, tracker`dirtyLevel
      ensures Valid()
      ensures w' == Visit(w, tracker, level)
      ensures forall t | t in st :: StateOf(t) == w'.states[t]
      ensures pausedEffects == queue0 + w'.queued && calls == calls0 + w'.log
    {
      w' := Visit(w, tracker, level);
      if Below(tracker.dirtyLevel, level) && (tracker.runnings == 0 || level != ComputedValueDirty) {
        var lastDirtyLevel := tracker.dirtyLevel;
        tracker.dirtyLevel := level;
        if lastDirtyLevel == NotDirty && (tracker.queryings == 0 || level != ComputedValueDirty) {
          calls := calls + [Spread(tracker)];
          if tracker.hasEffect {
            pausedEffects := pausedEffects + [tracker];
          }
        }
      }
    }

    /**
     * The loop of `trigger` over the keys (src/system.ts:90-111): the live
     * trackers, in key order, go through `VisitLive` one after the other.
     */
    method VisitKeys(keys: seq<TrackToken>, level: DirtyLevel, ghost st: map<Tracker, TrackerState>,
                     ghost live: set<Tracker>) returns (ghost w: WaveResult<Tracker>)
      requires Valid()
      requires st.Keys == Targets(keys) && live <= Targets(keys)
      requires forall t | t in st :: StateOf(t) == st[t] && (t.alive <==> t in live)
      modifies this`pausedEffects, this`calls, Targets(keys)`dirtyLevel
      ensures Valid()
      ensures w == Wave(LiveOrder(keys, live), st, level)
      ensures forall t | t in st :: StateOf(t) == w.states[t]
      ensures pausedEffects == old(pausedEffects) + w.queued && calls == old(calls) + w.log
    {
      w := Wave([], st, level);
      for i := 0 to |keys|
        invariant w == Wave(LiveOrder(keys[..i], live), st, level)
        invariant forall t | t in st :: StateOf(t) == w.states[t]
        invariant pausedEffects == old(pausedEffects) + w.queued && calls == old(calls) + w.log
        invariant Valid()
      {
        ghost var order := LiveOrder(keys[..i], live);
        LiveOrderStep(keys, i, live);
        assert keys[i].target in st && keys[i].target.alive == old(keys[i].target.alive);
        var deref := Deref(keys[i]);
        if deref.Some? {
          var tracker := deref.value;
          assert Wave(order + [tracker], st, level) == Visit(Wave(order, st, level), tracker, level) by {
            assert (order + [tracker])[..|order|] == order;
          }
          w := VisitLive(tracker, level, st, w, old(pausedEffects), old(calls));
        } else {
          assert order + [] == order;
        }
      }
      assert keys[..|keys|] == keys;
    }

    /**
     * The loop of `trigger` (src/system.ts:90-111) on `dep`'s keys, stated
     * against the wave `Pending(dep, level)` decided on the state before it.
     */
    method RaiseKeyed(dep: Dep, level: DirtyLevel) returns (ghost w: WaveResult<Tracker>)
      requires Valid()
      modifies this`pausedEffects, this`calls, Targets(dep.keys)`dirtyLevel
      ensures Valid()
      ensures w == old(Pending(dep, level))
      ensures forall t | t in Targets(dep.keys) :: StateOf(t) == w.states[t]
      ensures forall t | t in Targets(dep.keys) ::
        t.dirtyLevel == if old(t.alive) && Raises(old(StateOf(t)), level) then level else old(t.dirtyLevel)
      ensures pausedEffects == old(pausedEffects) + w.queued && calls == old(calls) + w.log
    {
      ghost var st, live := TargetStates(dep.keys), LiveTargets(dep.keys);
      w := VisitKeys(dep.keys, level, st, live);
      VisitedLevels(dep.keys, st, live, level);
    }

    /**
     * `trigger(dep, level)` (src/system.ts:88-113): inside one effect
     * pause, visit the live trackers keyed in `dep` in key order, raising,
     * spreading and enqueueing them as `Wave` decides on their states
     * before the call; then end the pause, which drains the queue when the
     * counter is back where it was and that is zero.  Only dirty levels of
     * keyed trackers change, and none goes down.
     */
    method Trigger(dep: Dep, level: DirtyLevel)
      requires Valid()
      modifies this`pauseEffectStack, this`pausedEffects, this`calls, Targets(dep.keys)`dirtyLevel
      ensures Valid()
      ensures pauseEffectStack == old(pauseEffectStack)
      ensures forall t | t in Targets(dep.keys) ::
        t.dirtyLevel == if old(t.alive) && Raises(old(StateOf(t)), level) then level else old(t.dirtyLevel)
      ensures var w := old(Pending(dep, level));
        var queue := old(pausedEffects) + w.queued;
        if pauseEffectStack == 0 then
          pausedEffects == [] && calls == old(calls) + w.log + EffectCalls(queue)
        else
          pausedEffects == queue && calls == old(calls) + w.log
    {
      assert TargetStates(dep.keys).Keys == Targets(dep.keys);
      PauseEffect();
      ghost var w := RaiseKeyed(dep, level);
      ResetEffect();
    }
  }
}
