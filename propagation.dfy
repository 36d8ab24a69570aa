/**
 * The decision rules of `trigger` (src/system.ts:88-113) over plain values.
 *
 * A trigger wave visits the live trackers keyed in a `Dep`, in key order,
 * and raises, spreads and enqueues them one at a time; a tracker may be
 * visited more than once when two keys resolve to it.  `Wave` threads the
 * trackers' states through the visits exactly as the loop does; `Dirtied`
 * and `WithEffect` are an independent description that decides everything
 * from the states BEFORE the wave, and the lemmas below show the two agree.
 */
module Propagation {
  import opened DirtyLevels
  import opened Sequences

  /** The fields of a tracker that `trigger` reads or writes. */
  datatype TrackerState = TrackerState(dirtyLevel: DirtyLevel, runnings: int, queryings: int, hasEffect: bool)

  /** An invocation of one of a tracker's callbacks, whose bodies are not modelled. */
  datatype Callback<T> = Spread(tracker: T) | Effect(tracker: T)

  /**
   * The guard of src/system.ts:95-98: the tracker is below the requested
   * level, and it is not running or the level is not ComputedValueDirty.
   */
  predicate Raises(s: TrackerState, level: DirtyLevel)
  {
    Below(s.dirtyLevel, level) && (s.runnings == 0 || level != ComputedValueDirty)
  }

  /**
   * The guard of src/system.ts:101-104, on the state before the raise: this
   * is the tracker's first dirtying, and it is not being queried or the
   * level is not ComputedValueDirty.
   */
  predicate Spreads(s: TrackerState, level: DirtyLevel)
  {
    s.dirtyLevel == NotDirty && (s.queryings == 0 || level != ComputedValueDirty)
  }

  /** What a wave has done so far: the trackers' states, the callbacks invoked, the trackers enqueued. */
  datatype WaveResult<T> = WaveResult(states: map<T, TrackerState>, log: seq<Callback<T>>, queued: seq<T>)

  ghost predicate Covers<T>(order: seq<T>, st: map<T, TrackerState>)
  {
    forall i :: 0 <= i < |order| ==> order[i] in st
  }

  /** One iteration of the loop body of src/system.ts:95-110 for live tracker `t`. */
  function Visit<T>(w: WaveResult<T>, t: T, level: DirtyLevel): (w': WaveResult<T>)
    requires t in w.states
    ensures w'.states.Keys == w.states.Keys
  {
    var s := w.states[t];
    if !Raises(s, level) then w
    else
      var states := w.states[t := s.(dirtyLevel := level)];
      if Spreads(s, level) then
        WaveResult(states, w.log + [Spread(t)], if s.hasEffect then w.queued + [t] else w.queued)
      else
        WaveResult(states, w.log, w.queued)
  }

  /** The loop of src/system.ts:90-111 over the live trackers `order`, starting from states `st`. */
  function Wave<T>(order: seq<T>, st: map<T, TrackerState>, level: DirtyLevel): (w: WaveResult<T>)
    requires Covers(order, st)
    ensures w.states.Keys == st.Keys
    decreases |order|
  {
    if order == [] then WaveResult(st, [], [])
    else Visit(Wave(order[..|order| - 1], st, level), order[|order| - 1], level)
  }

  /**
   * Reference definition: the trackers of `order`, each at its first
   * occurrence, that the guards select on their states before the wave.
   */
  function Dirtied<T>(order: seq<T>, st: map<T, TrackerState>, level: DirtyLevel): (r: seq<T>)
    requires Covers(order, st)
    ensures forall i :: 0 <= i < |r| ==> r[i] in order && r[i] in st
    decreases |order|
  {
    if order == [] then []
    else
      var p := order[..|order| - 1];
      var t := order[|order| - 1];
      if t !in p && Raises(st[t], level) && Spreads(st[t], level) then Dirtied(p, st, level) + [t]
      else Dirtied(p, st, level)
  }

  /** The members of `ts` that have an `effect` callback, in order. */
  function WithEffect<T>(ts: seq<T>, st: map<T, TrackerState>): seq<T>
    requires forall i :: 0 <= i < |ts| ==> ts[i] in st
    decreases |ts|
  {
    if ts == [] then []
    else
      var p := WithEffect(ts[..|ts| - 1], st);
      if st[ts[|ts| - 1]].hasEffect then p + [ts[|ts| - 1]] else p
  }

  function SpreadCalls<T>(ts: seq<T>): (r: seq<Callback<T>>)
  {
    seq(|ts|, i requires 0 <= i < |ts| => Spread(ts[i]))
  }

  function EffectCalls<T>(ts: seq<T>): (r: seq<Callback<T>>)
  {
    seq(|ts|, i requires 0 <= i < |ts| => Effect(ts[i]))
  }

  lemma PrefixCovers<T>(order: seq<T>, st: map<T, TrackerState>)
    requires Covers(order, st) && order != []
    ensures Covers(order[..|order| - 1], st)
  {
  }

  /**
   * The state a wave leaves each tracker in: raised to exactly `level` when
   * it is keyed and the guard holds of its state before the wave, otherwise
   * untouched; a second visit to the same tracker changes nothing.
   */
  lemma {:induction false} WaveFinalState<T>(order: seq<T>, st: map<T, TrackerState>, level: DirtyLevel)
    requires Covers(order, st)
    ensures forall t :: t in st ==> (Wave(order, st, level).states[t] ==
      if t in order && Raises(st[t], level) then st[t].(dirtyLevel := level) else st[t])
  {
    if order != [] {
      var p := order[..|order| - 1];
      var x := order[|order| - 1];
      PrefixCovers(order, st);
      WaveFinalState(p, st, level);
      assert order == p + [x];
      forall t | t in st
        ensures Wave(order, st, level).states[t] ==
          if t in order && Raises(st[t], level) then st[t].(dirtyLevel := level) else st[t]
      {
        assert t in order <==> t in p || t == x;
      }
    }
  }

  /**
   * `trigger` never lowers a dirty level and touches no field but the dirty
   * level; a tracker the wave touches ends at exactly the requested level.
   */
  lemma WaveMonotone<T>(order: seq<T>, st: map<T, TrackerState>, level: DirtyLevel)
    requires Covers(order, st)
    ensures forall t :: t in st ==>
      var s := Wave(order, st, level).states[t];
      && AtMost(st[t].dirtyLevel, s.dirtyLevel)
      && s == st[t].(dirtyLevel := s.dirtyLevel)
      && (s.dirtyLevel == st[t].dirtyLevel || s.dirtyLevel == level)
  {
    WaveFinalState(order, st, level);
  }

  /** The state a wave's prefix leaves the tracker visited last in. */
  lemma LastVisit<T>(order: seq<T>, st: map<T, TrackerState>, level: DirtyLevel)
    requires Covers(order, st) && order != []
    ensures Covers(order[..|order| - 1], st)
    ensures var p, x := order[..|order| - 1], order[|order| - 1];
      && Wave(order, st, level) == Visit(Wave(p, st, level), x, level)
      && Wave(p, st, level).states[x] ==
           if x in p && Raises(st[x], level) then st[x].(dirtyLevel := level) else st[x]
  {
    WaveFinalState(order[..|order| - 1], st, level);
  }

  /** The callbacks a wave invokes are `spread` on the reference selection, in order. */
  lemma {:induction false} WaveLogMatches<T>(order: seq<T>, st: map<T, TrackerState>, level: DirtyLevel)
    requires Covers(order, st)
    ensures Wave(order, st, level).log == SpreadCalls(Dirtied(order, st, level))
  {
    if order != [] {
      var p, x := order[..|order| - 1], order[|order| - 1];
      LastVisit(order, st, level);
      WaveLogMatches(p, st, level);
      var d := Dirtied(p, st, level);
      if x !in p && Raises(st[x], level) && Spreads(st[x], level) {
        assert SpreadCalls(d + [x]) == SpreadCalls(d) + [Spread(x)];
      }
    }
  }

  /** The trackers a wave enqueues are the effect trackers of the reference selection, in order. */
  lemma {:induction false} WaveQueueMatches<T>(order: seq<T>, st: map<T, TrackerState>, level: DirtyLevel)
    requires Covers(order, st)
    ensures Wave(order, st, level).queued == WithEffect(Dirtied(order, st, level), st)
  {
    if order != [] {
      var p, x := order[..|order| - 1], order[|order| - 1];
      LastVisit(order, st, level);
      WaveQueueMatches(p, st, level);
      var d := Dirtied(p, st, level);
      if x !in p && Raises(st[x], level) && Spreads(st[x], level) {
        assert (d + [x])[..|d|] == d;
      }
    }
  }

  /**
   * The reference selection holds each tracker that the guards select,
   * once, and nothing else.
   */
  lemma {:induction false} DirtiedMembers<T>(order: seq<T>, st: map<T, TrackerState>, level: DirtyLevel)
    requires Covers(order, st)
    ensures forall t :: t in Dirtied(order, st, level) <==>
      t in order && Raises(st[t], level) && Spreads(st[t], level)
    ensures Distinct(Dirtied(order, st, level))
  {
    if order != [] {
      var p := order[..|order| - 1];
      var x := order[|order| - 1];
      PrefixCovers(order, st);
      DirtiedMembers(p, st, level);
      assert order == p + [x];
      var d := Dirtied(p, st, level);
      if x !in p && Raises(st[x], level) && Spreads(st[x], level) {
        var r := d + [x];
        forall i, j | 0 <= i < j < |r| ensures r[i] != r[j] {
          if j == |d| {
            assert r[i] == d[i] && d[i] in d;
          } else {
            assert r[i] == d[i] && r[j] == d[j];
          }
        }
      }
    }
  }

  /** Filtering by `hasEffect` keeps exactly the effect trackers, in order, without duplicates. */
  lemma {:induction false} WithEffectMembers<T>(ts: seq<T>, st: map<T, TrackerState>)
    requires forall i :: 0 <= i < |ts| ==> ts[i] in st
    requires Distinct(ts)
    ensures forall t :: t in WithEffect(ts, st) <==> t in ts && st[t].hasEffect
    ensures Distinct(WithEffect(ts, st))
  {
    if ts != [] {
      var p := ts[..|ts| - 1];
      var x := ts[|ts| - 1];
      assert ts == p + [x];
      assert Distinct(p) by {
        forall i, j | 0 <= i < j < |p| ensures p[i] != p[j] {
          assert p[i] == ts[i] && p[j] == ts[j];
        }
      }
      WithEffectMembers(p, st);
      assert x !in p by {
        forall k | 0 <= k < |p| ensures p[k] != x {
          assert p[k] == ts[k];
        }
      }
      var w := WithEffect(p, st);
      if st[x].hasEffect {
        var r := w + [x];
        forall i, j | 0 <= i < j < |r| ensures r[i] != r[j] {
          if j == |w| {
            assert r[i] == w[i] && w[i] in w;
          } else {
            assert r[i] == w[i] && r[j] == w[j];
          }
        }
      }
    }
  }

  /**
   * A wave enqueues exactly the keyed effect trackers whose state before
   * the wave passes both guards, each at most once, and spreads exactly the
   * keyed trackers that pass both guards, each at most once.
   */
  lemma WaveQueuesOnce<T>(order: seq<T>, st: map<T, TrackerState>, level: DirtyLevel)
    requires Covers(order, st)
    ensures forall t :: t in Wave(order, st, level).queued <==>
      t in order && Raises(st[t], level) && Spreads(st[t], level) && st[t].hasEffect
    ensures Distinct(Wave(order, st, level).queued)
    ensures forall t :: Spread(t) in Wave(order, st, level).log <==>
      t in order && Raises(st[t], level) && Spreads(st[t], level)
    ensures forall t :: Effect(t) !in Wave(order, st, level).log
  {
    WaveLogMatches(order, st, level);
    WaveQueueMatches(order, st, level);
    DirtiedMembers(order, st, level);
    WithEffectMembers(Dirtied(order, st, level), st);
    var d := Dirtied(order, st, level);
    forall t ensures Spread(t) in SpreadCalls(d) <==> t in d {
      if t in d {
        var k :| 0 <= k < |d| && d[k] == t;
        assert SpreadCalls(d)[k] == Spread(t);
      }
    }
  }

  /**
   * Effect batching: a tracker enqueued by one wave is not enqueued again by
   * a later wave over the states the first one left, whatever its keys and
   * level, since its first dirtying is behind it.
   */
  lemma SecondWaveSkipsQueued<T>(order1: seq<T>, order2: seq<T>, st: map<T, TrackerState>,
                                 level1: DirtyLevel, level2: DirtyLevel)
    requires Covers(order1, st) && Covers(order2, st)
    ensures forall t :: t in Wave(order1, st, level1).queued ==>
      t !in Wave(order2, Wave(order1, st, level1).states, level2).queued
  {
    var w1 := Wave(order1, st, level1);
    WaveQueuesOnce(order1, st, level1);
    WaveFinalState(order1, st, level1);
    WaveQueuesOnce(order2, w1.states, level2);
  }
}
