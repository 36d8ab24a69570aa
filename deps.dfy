/**
 * The objects `src/system.ts` works on: the tracker (only the fields that
 * file reads or writes), the identity token under which a tracker is
 * known, and the `Dep` of src/dep.ts, a JavaScript `Map` from token to the
 * tracker's run id, which remembers the order in which keys were inserted.
 */
module Deps {
  import opened DirtyLevels
  import opened Sequences

  datatype Option<T> = None | Some(value: T)

  /**
   * A tracker, as far as src/system.ts sees it.  `hasEffect` stands for the
   * presence of the optional `effect` callback and `alive` for whether
   * dereferencing a token to this tracker succeeds.
   */
  class Tracker {
    var trackToken: Option<TrackToken>
    var trackId: int
    var depsLength: nat
    var dirtyLevel: DirtyLevel
    var runnings: int
    var queryings: int
    const hasEffect: bool
    var alive: bool
  }

  /**
   * A key of a `Dep` or of `depsMap`: either a tracker itself, or the weak
   * reference to it that a plain tracker gets as its token.  The two are
   * different keys even when they lead to the same tracker.
   */
  datatype TrackToken = Itself(target: Tracker) | WeakRefTo(target: Tracker)

  /** `token.deref()`: the tracker, unless it has been collected. */
  function Deref(token: TrackToken): Option<Tracker>
    reads token.target
  {
    if token.target.alive then Some(token.target) else None
  }

  /** `keys` lists exactly the keys of `ids`, each once. */
  ghost predicate Consistent(keys: seq<TrackToken>, ids: map<TrackToken, int>)
  {
    && (forall k | k in ids :: k in keys)
    && (forall i | 0 <= i < |keys| :: keys[i] in ids)
    && Distinct(keys)
  }

  /** Deleting a key from a consistent map keeps it consistent. */
  lemma DeleteKeepsConsistent(keys: seq<TrackToken>, ids: map<TrackToken, int>, key: TrackToken)
    requires Consistent(keys, ids)
    ensures Consistent(Without(keys, key), ids - {key})
  {
    WithoutKeepsDistinct(keys, key);
  }

  /**
   * A dependency: a map from token to run id.  `keys` is the map's
   * iteration order (insertion order, as for every JavaScript `Map`) and
   * `ids` its contents.
   */
  class Dep {
    var keys: seq<TrackToken>
    var ids: map<TrackToken, int>

    /** The keys listed are exactly the keys mapped, each once. */
    ghost predicate Valid()
      reads this
    {
      Consistent(keys, ids)
    }

    constructor ()
      ensures Valid() && keys == [] && ids == map[]
    {
      keys, ids := [], map[];
    }

    /** `dep.get(key)`: the id recorded for `key`, or `None` (`undefined`). */
    function Get(key: TrackToken): Option<int>
      reads this
    {
      if key in ids then Some(ids[key]) else None
    }

    /** `dep.set(key, id)`: a new key goes to the end of the order, an existing one keeps its place. */
    method Set(key: TrackToken, id: int)
      modifies this
      ensures ids == old(ids)[key := id]
      ensures keys == if key in old(ids) then old(keys) else old(keys) + [key]
      ensures old(Valid()) ==> Valid()
    {
      if key !in ids {
        keys := keys + [key];
      }
      ids := ids[key := id];
      if old(Valid()) {
        forall i, j | 0 <= i < j < |keys| ensures keys[i] != keys[j] {
          if j == |old(keys)| {
            assert keys[i] == old(keys)[i] && old(keys)[i] in old(ids);
          }
        }
      }
    }

    /** `dep.delete(key)`: the key leaves both the contents and the order; absent keys are ignored. */
    method Delete(key: TrackToken)
      modifies this
      ensures ids == old(ids) - {key}
      ensures keys == Without(old(keys), key)
      ensures old(Valid()) ==> Valid()
    {
      if old(Valid()) {
        DeleteKeepsConsistent(keys, ids, key);
      }
      keys := Without(keys, key);
      ids := ids - {key};
    }
  }
}
