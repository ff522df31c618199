# Kazagumo playback queue, modelled in Dafny

This project models `KazagumoQueue`, the playback queue of a Kazagumo music
player. The queue is an array of pending tracks. Beside it sit an optional
`current` track (the one now playing) and a `previous` list (the history).
It offers four read-only getters: `size`, `totalSize`, `isEmpty` and
`durationLength`. It offers five mutators: `add`, `addAt`, `remove`,
`shuffle` and `clear`. Each mutator that succeeds sends exactly one
`QueueUpdate` event to the owning player's event bus.

Layout:

- `wrappers.dfy` (module `Wrappers`): `Option`. `None` stands for both `null` and `undefined`.
- `tracks.dfy` (module `Tracks`): a track reduced to its identity and its optional `length`. Also the duration of a track (`cur.length || 0`), the reference sum `TotalDuration`, the left fold that `durationLength` performs, and lemmas about the sum (append, insert, remove, permutation).
- `fisher_yates.dfy` (module `FisherYates`): the swap index `Math.floor(x * (i + 1))`, the swap, and `Shuffled`, the state after the count-down swap loop as a function of the draws.
- `queue.dfy` (module `Queue`): the class `KazagumoQueue`. It has fields `pending` (`seq`), `current`, `previous` and the `const` back-reference `player`. The getters are functions that read `this`. The mutators are methods whose `modifies` clauses name the fields they write. The notifications go to a ghost log `updates` of `QueueUpdate` events. Each event records the player, the queue and the contents a synchronous listener sees at that moment.
- `scenarios.dfy` (module `Scenarios`): callers of the queue, showing what the contracts let a client conclude.

The frames say what the code does with its fields:

- Only `Add` may write `current`.
- No method writes `previous`.
- `AddAt`, `Remove`, `Shuffle` and `Clear` write only `pending` and the notification log.

`size` is `Size()`, the length of `pending`. It carries no contract of its own. The other getters and the mutators state their results in terms of it.

In three places the code does less than a quick reading suggests. The model follows the code:

- **`add` with a bare track.** Lines 44-47 of src/Managers/Supports/KazagumoQueue.ts read as a short-circuit: with no current track, a bare track becomes current and `add` returns without a notification. But line 40 wraps a bare track into an array before the test at line 42, so that branch can never run. In the code, `add(t)` sets `current := t`, appends nothing and does notify. `add([])` on a queue with no current track leaves `current` absent and also notifies.
- **Current track and pending tracks.** `add` never checks for duplicates, so a track can be current and pending at once. The model does not claim the two are disjoint.
- **`previous`.** The history is filled by the player, not by the queue. The queue never touches it, and the model states only that.

## Model

| member | source | states |
|---|---|---|
| `Tracks.Duration` | src/Managers/Supports/KazagumoQueue.ts:26 | no contract; defined as the track's `length`, or 0 when it is absent (`cur.length \|\| 0`) |
| `Queue.Normalize` | src/Managers/Supports/KazagumoQueue.ts:40 | no contract; defined as the one-element sequence for a bare track and the given sequence for an array |
| `Queue.KazagumoQueue.Size` | src/Managers/Supports/KazagumoQueue.ts:10-12 | no contract; defined as the number of pending tracks |
| `Tracks.SumLengths` | src/Managers/Supports/KazagumoQueue.ts:26 | the `reduce` over the pending tracks with `acc + (cur.length \|\| 0)` yields the start value plus the sum of the durations, a missing length counting 0 |
| `Tracks.TotalDurationAppend` | src/Managers/Supports/KazagumoQueue.ts:25-27 | the duration of two track sequences put together is the sum of their durations |
| `Tracks.TotalDurationInsert` | src/Managers/Supports/KazagumoQueue.ts:73 | inserting a track at any valid position adds exactly that track's duration |
| `Tracks.TotalDurationRemove` | src/Managers/Supports/KazagumoQueue.ts:86 | removing the track at a valid position takes away exactly that track's duration |
| `Tracks.ElementWithinTotal` | src/Managers/Supports/KazagumoQueue.ts:25-27 | no pending track lasts longer than the whole queue |
| `Tracks.TotalDurationPermutation` | src/Managers/Supports/KazagumoQueue.ts:92-99 | two sequences with the same multiset of tracks have the same duration, so reordering never changes it |
| `FisherYates.SwapIndex` | src/Managers/Supports/KazagumoQueue.ts:94 | for a draw in [0, 1), `Math.floor(x * (i + 1))` is an index in [0, i] |
| `FisherYates.Swap` | src/Managers/Supports/KazagumoQueue.ts:95 | the destructuring swap puts the old element at `j` at index `i` and the old element at `i` at index `j`, keeping the length |
| `FisherYates.SwapPermutes` | src/Managers/Supports/KazagumoQueue.ts:95 | a swap keeps the multiset of elements |
| `FisherYates.Shuffled` | src/Managers/Supports/KazagumoQueue.ts:93-96 | the swaps from index `i` down to 1 keep the length of the sequence |
| `FisherYates.ShuffledIsPermutation` | src/Managers/Supports/KazagumoQueue.ts:93-96 | the swaps from index `i` down to 1 produce a permutation of the input: the same multiset of tracks |
| `Queue.KazagumoQueue.constructor` | src/Managers/Supports/KazagumoQueue.ts:6-8 | a new queue belongs to the given player and starts with no pending track, no current track, an empty history and no notification |
| `Queue.KazagumoQueue.TotalSize` | src/Managers/Supports/KazagumoQueue.ts:15-17 | `totalSize` is `size` or `size + 1`; it exceeds `size` exactly when a current track is set; it is 0 exactly when nothing is pending and nothing plays |
| `Queue.KazagumoQueue.IsEmpty` | src/Managers/Supports/KazagumoQueue.ts:20-22 | `isEmpty` holds exactly when `size` is 0, whether or not a track plays; an empty queue has duration 0 and a total size of at most 1 |
| `Queue.KazagumoQueue.DurationLength` | src/Managers/Supports/KazagumoQueue.ts:25-27 | `durationLength` is the sum of the durations of the pending tracks only; it bounds each pending track's duration |
| `Queue.KazagumoQueue.EmitChanges` | src/Managers/Supports/KazagumoQueue.ts:108-111 | one `QueueUpdate` event is sent, carrying the player, the queue and its present contents |
| `Queue.KazagumoQueue.Add` | src/Managers/Supports/KazagumoQueue.ts:39-54 | with no current track, the first given track becomes current (none for an empty array) and the rest are appended in order; otherwise all are appended and `current` stays; `totalSize` grows by the number of given tracks; exactly one notification in every case |
| `Queue.KazagumoQueue.AddAt` | src/Managers/Supports/KazagumoQueue.ts:68-76 | throws error code 1, whose message names the position and `size`, exactly when `position < 0 \|\| position > size`, and then changes nothing and does not notify; otherwise the track is inserted at `position`, size grows by 1, duration grows by its length and one notification follows |
| `Queue.KazagumoQueue.Remove` | src/Managers/Supports/KazagumoQueue.ts:83-89 | throws error code 1, whose message names only the largest valid index `size - 1`, exactly when `position < 0 \|\| position >= size`, and then changes nothing and does not notify; otherwise the track at `position` is deleted, size drops by 1, duration drops by its length and one notification follows |
| `Queue.KazagumoQueue.Shuffle` | src/Managers/Supports/KazagumoQueue.ts:92-99 | the pending tracks become the result of the Fisher-Yates pass over the given draws: a permutation with the same length, multiset and duration; `current` and `previous` stay; exactly one notification, even for zero or one track |
| `Queue.KazagumoQueue.Clear` | src/Managers/Supports/KazagumoQueue.ts:102-106 | no pending track is left, the duration is 0, `totalSize` is 1 or 0 by whether a track plays, and one notification follows |
| `Queue.ElementsWithinTotal` | src/Managers/Supports/KazagumoQueue.ts:25-27 | every pending track's duration is at most the queue's duration |
| `Queue.RemoveUndoesAddAt` | src/Managers/Supports/KazagumoQueue.ts:68-89 | inserting a track at `p` and then removing index `p` gives back the original pending sequence |
| `Scenarios.AddSeveralToEmpty` | src/Managers/Supports/KazagumoQueue.ts:39-54 | `add([a, b, c])` on a new queue makes `a` current, leaves `[b, c]` pending and notifies once |
| `Scenarios.AddSingleToEmpty` | src/Managers/Supports/KazagumoQueue.ts:39-54 | `add(t)` on a new queue makes `t` current, leaves nothing pending and notifies once, the listener seeing `t` as current |
| `Scenarios.InsertThenRemoveOutOfRange` | src/Managers/Supports/KazagumoQueue.ts:68-89 | `addAt(x, 1)` on `[b, c]` gives `[b, x, c]`; then `remove(5)` throws error code 1 naming the largest valid index 2, changes nothing and sends no further notification |
| `Scenarios.DurationOfPending` | src/Managers/Supports/KazagumoQueue.ts:15-27 | pending tracks of 1000 and 2000 ms give a duration of 3000, with the current track's missing length not counted, and a total size of 3 |
| `Scenarios.AddAtThenRemove` | src/Managers/Supports/KazagumoQueue.ts:68-89 | `addAt(t, p)` followed by `remove(p)` restores the pending tracks, keeps `current` and sends two notifications |

## Left out

- The event bus call `this.kazagumoPlayer.shoukaku.emit(...)` (line 110) is a foreign call into the player. It is modelled as an append to the ghost log `updates`. What listeners do with the event is not modelled.
- `Math.random()` in `shuffle` is not modelled as a generator. `Shuffle` takes the draws as a parameter `random`, where `random(i)` is the draw taken at index `i`. Each draw lies in [0, 1), as `Math.random()` promises. Floating-point arithmetic is modelled by exact reals, so double rounding in `x * (i + 1)` is not captured. The model says nothing about how uniform the permutation is.
- `KazagumoTrack` and `KazagumoPlayer` are external classes and not part of this model. A track is its identity plus an optional natural `length`. A player is an opaque reference.
- The methods the queue inherits from `Array` are not modelled. This includes index writes and `push`/`splice` called by other code, which would bypass the queue's methods and its notifications.
- JavaScript number quirks are not modelled. Positions are integers, so a fractional position that `splice` would truncate cannot occur. Lengths are natural numbers, so NaN, negative and fractional lengths cannot occur.
- Aliasing between `add`'s argument and other arrays is not modelled: the model passes tracks by value. So two effects are not captured. First, with no current track, `track.shift()` removes the first element from the caller's own array. Second, an argument array that is the queue itself (`q.add(q)`) passes `Array.isArray` at line 40; the loop at line 50 then pushes onto the array it iterates and never ends, where the model ends with the pending tracks appended to themselves.
- The text of the error messages is not modelled. The error records its code and the numbers its message prints: for `addAt` the position and the queue's length (line 70), for `remove` only the largest valid index, `length - 1` (line 85).
- The chaining return value (`return this`) is not modelled. Each method acts on its receiver, and `AddAt`/`Remove` return whether they threw.
