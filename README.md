# Reactive dependency tracking: `src/system.ts`

This project models the dependency-tracking and invalidation engine of a
small reactive library. The module-level state of `src/system.ts` is the
class `ReactiveSystem.System`:

- the stack of running trackers, and the stacks saved by `pauseTracking`;
- the effect pause counter, and the FIFO queue of effect trackers waiting
  for that pause to end;
- `depsMap`, the link list of `Dep`s recorded for each tracker token.

The methods of `System` follow the functions of the file that use this state:

- `pauseTracking` and `resetTracking`;
- `pauseEffect` and `resetEffect`, with its drain loop;
- `track` and `trigger`;
- the body of the finalizer callback, as the explicitly called method `Purge`.

`cleanupDepEffect`, which touches no module state, is the module-level
method `ReactiveSystem.CleanupDepEffect`.

Four modules make up the model:

- `DirtyLevels`: the four-valued dirty level and its total order.
- `Sequences`: removal of an element from an ordered key list.
- `Deps`:
  - `Tracker`, which holds only the tracker fields this file reads or writes;
  - `TrackToken`, the key type;
  - `Dep`, a JavaScript `Map` from token to run id, kept as its insertion
    order `keys` plus its contents `ids`.
- `Propagation`: a pure description of one `trigger` wave. `Wave` threads
  the trackers' states through the visits exactly as the loop does. `Dirtied`
  and `WithEffect` are an independent reference that decides everything on
  the states before the wave. The lemmas prove that the two agree, and that a
  wave never lowers a level and enqueues each tracker at most once.
  `System.Trigger` is proved against `Wave`.

The callbacks `spread()` and `effect()` are not modelled. Each invocation is
appended to the ghost log `calls`, so the contracts state which callbacks
run, and in which order.

Key identity follows the code:

- `track` and `cleanupDepEffect` key a `Dep` by the tracker itself
  (`Itself(t)`).
- A plain tracker's token is a weak reference (`WeakRefTo(t)`).
- The finalizer deletes the token from every `Dep` in the token's link list.
- `trigger` dereferences each key (`Deref`), and skips the key when that fails.

Consequently, purging a plain tracker's token empties its link list, but it
leaves the tracker's own entry in each `Dep`. `System.FirstReadThenPurge`
states this.

## Model

| member | source | states |
|---|---|---|
| DirtyLevels.Rank | src/system.ts:4-9 | the numeric value of each level lies in 0..3; 0 is exactly `NotDirty` and 3 is exactly `Dirty` |
| DirtyLevels.FromRank | src/system.ts:4-9 | every value 0..3 is the numeric value of some level |
| DirtyLevels.RankRoundTrip | src/system.ts:4-9 | the numeric value identifies the level (it has an inverse) |
| DirtyLevels.AtMostIsTotalOrder | src/system.ts:4-9 | comparing numeric values is a total order on the levels (reflexive, antisymmetric, transitive, total), and `<` is the negation of the reversed `<=` |
| Sequences.Without | src/system.ts:44 | deleting a key from a map's insertion order keeps every other key, drops every occurrence of the deleted one, and is the identity on an absent key |
| Sequences.WithoutKeepsDistinct | src/system.ts:44 | a deletion keeps an insertion order duplicate-free |
| Sequences.WithoutIdempotent | src/system.ts:43-45 | deleting the same key twice is deleting it once |
| Deps.DeleteKeepsConsistent | src/system.ts:44 | after a delete, the order still lists exactly the mapped keys, each once |
| Deps.Dep.constructor | src/dep.ts:3-6 | a new `Dep` is empty and consistent |
| Deps.Dep.Set | src/system.ts:66 | `set` maps the key to the id; a new key goes to the end of the order and an existing one keeps its place; consistency is preserved |
| Deps.Dep.Delete | src/system.ts:84 | `delete` removes the key from both the contents and the order; an absent key changes nothing; consistency is preserved |
| Propagation.Visit | src/system.ts:95-110 | one visit of the loop body keeps the set of known trackers |
| Propagation.Wave | src/system.ts:90-111 | the loop threads states through every visit and keeps the set of known trackers |
| Propagation.Dirtied | src/system.ts:95-104 | the reference selection draws only on visited trackers with a known state |
| Propagation.WaveFinalState | src/system.ts:95-100 | a visited tracker whose state before the wave passes the raise guard ends at exactly the requested level; every other tracker is unchanged, and a second visit changes nothing |
| Propagation.WaveMonotone | src/system.ts:95-100 | a wave never lowers a dirty level and changes no field but the dirty level |
| Propagation.WaveLogMatches | src/system.ts:101-105 | the `spread()` calls of a wave are those of the reference selection, in visiting order |
| Propagation.WaveQueueMatches | src/system.ts:106-108 | the trackers a wave enqueues are the effect trackers of the reference selection, in order |
| Propagation.DirtiedMembers | src/system.ts:95-104 | a tracker is in the reference selection iff it is visited and its state before the wave passes both guards; no tracker appears twice |
| Propagation.WithEffectMembers | src/system.ts:106-108 | filtering by `effect` keeps exactly the effect trackers, without duplicates |
| Propagation.WaveQueuesOnce | src/system.ts:101-108 | a tracker is enqueued iff it is visited, has `effect`, and its state before the wave passes both guards; it is enqueued at most once, `spread` goes to exactly the selected trackers, and the wave calls no `effect` |
| Propagation.SecondWaveSkipsQueued | src/system.ts:99-108 | a tracker that one wave enqueued is not enqueued by any later wave over the states it left |
| ReactiveSystem.SetSlot | src/system.ts:72 | writing slot `k` (at most one past the end) puts the `Dep` there, grows the list only at the end, and leaves every other slot unchanged |
| ReactiveSystem.LiveOrder | src/system.ts:90-94 | the trackers visited are all alive |
| ReactiveSystem.LiveOrderMembers | src/system.ts:90-94 | a tracker is visited iff some key leads to it and it is alive |
| ReactiveSystem.VisitedLevels | src/system.ts:90-100 | the level a wave over a `Dep`'s keys leaves each keyed tracker at: the requested level if it is alive and passes the raise guard, otherwise its own |
| ReactiveSystem.CleanupDepEffect | src/system.ts:81-86 | the entry keyed by the tracker itself is deleted iff an id is recorded and differs from the tracker's `trackId`; otherwise the `Dep` is unchanged |
| ReactiveSystem.DeleteFromEach | src/system.ts:43-45 | every `Dep` of the list loses the token, and nothing else |
| ReactiveSystem.System.constructor | src/system.ts:11-16 | the module starts with empty stacks, an empty queue, a zero counter and no links |
| ReactiveSystem.System.PauseTracking | src/system.ts:18-21 | the whole running stack is saved on top of the saved stacks, and the running stack becomes empty |
| ReactiveSystem.System.ResetTracking | src/system.ts:23-25 | the most recently saved stack becomes the running stack and is removed from the saved ones |
| ReactiveSystem.System.PauseEffect | src/system.ts:27-29 | the counter goes up by one |
| ReactiveSystem.System.ResetEffect | src/system.ts:31-36 | the counter goes down by one; if it is then zero, every queued tracker's `effect` runs in FIFO order and the queue ends empty; otherwise the queue and the log are untouched |
| ReactiveSystem.System.Purge | src/system.ts:40-48 | every `Dep` in the token's link list loses the token and nothing else, and the list becomes empty; with no list nothing changes |
| ReactiveSystem.System.Track | src/system.ts:50-79 | with no running tracker nothing changes. Otherwise the top tracker gets its token (and an empty link list) if it has none. A read that is already current changes nothing, including the `Dep` in slot `depsLength`. Any other read maps the tracker to its `trackId` in `dep`, puts `dep` in slot `depsLength` (the only slot that changes), advances `depsLength` by one, and cleans up a different previous occupant of that slot. The slot index stays in range |
| ReactiveSystem.System.ReadWhilePaused | src/system.ts:18-25 | a read between `pauseTracking` and `resetTracking` links nothing, and the reset restores exactly the running stack |
| ReactiveSystem.System.ReadAgain | src/system.ts:62-66 | a read of a `Dep` that already maps the reader to its current `trackId` changes nothing: not the link table, not the reader's token or `depsLength`, not `dep`, and not the `Dep` in the reader's next slot |
| ReactiveSystem.System.ReadTwice | src/system.ts:62-66 | two reads of one `Dep` in one run are one read: stated on the state before both, the token, the link table, `depsLength`, `dep`'s contents and order, and the evicted slot's `Dep` end exactly as a single `track` leaves them, and every other `Dep` of the link list is unchanged; `depsLength` advances at most once |
| ReactiveSystem.System.FirstReadThenPurge | src/system.ts:53-66 | after a plain tracker's first read, purging its weak token empties its link list, but the `Dep` still maps the tracker itself |
| ReactiveSystem.System.VisitLive | src/system.ts:95-110 | one iteration for a live tracker does what `Visit` says to its level, the queue and the callback log |
| ReactiveSystem.System.VisitKeys | src/system.ts:90-111 | the loop over the keys dereferences each key, skips it when that fails, and otherwise does what `Wave` over the live trackers, in key order, says |
| ReactiveSystem.System.RaiseKeyed | src/system.ts:90-111 | the loop over a `Dep` realises the wave decided on the state before it: these levels, then this queue and this log |
| ReactiveSystem.System.Trigger | src/system.ts:88-113 | the counter ends where it started. Each keyed tracker ends at the requested level if it was alive and passed the raise guard, otherwise unchanged. The wave's `spread` calls are logged, and its effect trackers are queued after the earlier ones; when the counter is zero the whole queue is drained in FIFO order |

## Left out

- Garbage collection, `WeakRef` and the `FinalizationRegistry` registration (src/system.ts:40, 57-58): collection is nondeterministic. Liveness is the flag `Tracker.alive`, and the finalizer body is the explicitly called `Purge`.
- `depsMap` is a `WeakMap`, whose entries vanish with their key. The model's map never loses an entry by itself.
- Each `WeakRef` is a value (`WeakRefTo(t)`): two weak references to the same tracker would be one key here. The code creates at most one per tracker.
- What `spread()` and `effect()` do, and re-entry into `trigger` through them: they are callbacks into the `Tracker` class, and only their invocations are recorded.
- ReactiveSystem.System.Trigger: the final dirty levels it states assume that the `effect()` callbacks drained at the end leave levels alone. Their re-runs, which reset levels, live in the unshown `src/tracker.ts`.
- ReactiveSystem.System.Trigger: visits a snapshot of the `Dep`'s keys. A live JavaScript `Map` iteration would also visit keys added during the loop, and would skip keys deleted during it before they are reached. Only the unmodelled callbacks could add or delete keys.
- ReactiveSystem.System.Trigger: requires that every queued tracker has an `effect` (`System.Valid`). The code's non-null assertion on `effect` would otherwise throw in the drain.
- ReactiveSystem.System.ResetEffect: requires the same invariant, for the same reason.
- ReactiveSystem.System.ResetTracking: requires a saved stack. Popping an empty stack would leave `activeTrackers` undefined.
- ReactiveSystem.System.Track: requires that the reader's `depsLength` is at most the length of its link list, and 0 before it has a token. This is an invariant of the `Tracker` run/trim logic. A larger index would leave holes in the JavaScript array, which the model does not represent.
- `src/tracker.ts` is not part of this model: the `Tracker` constructor, its `deref`, the push/pop of the running stack around a run, the `trackId` increment, and the trimming of stale links at the end of a run.
- `src/effect.ts`: a wrapper that builds a `Tracker` and runs it, with no logic of its own.
- The optional `computed` hook of `src/dep.ts`, which this file never reads.
