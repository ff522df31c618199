/** The playback queue of a Kazagumo player: pending tracks, the current track and the history. */
module Queue {
  import opened Wrappers
  import opened Tracks
  import opened FisherYates

  /** The owning player, held only as a back-reference and as the payload of notifications. */
  class KazagumoPlayer { }

  /** The code that every position error of the queue carries. */
  const INVALID_POSITION: int := 1

  /**
   * The numbers in the message of a position error: `addAt` prints the
   * offending position and the queue's length, `remove` only the largest
   * valid index. The wording itself is not modelled.
   */
  datatype Message = AddAtRange(position: int, length: int) | RemoveRange(last: int)

  /** A `KazagumoError` thrown by the queue: its code and its message. */
  datatype KazagumoError = KazagumoError(code: int, message: Message)

  /** How a mutator that may throw ends: normally (returning the queue) or by throwing. */
  datatype Outcome = Returned | Thrown(error: KazagumoError)

  /** The argument of `add`: a bare track or an array of tracks. */
  datatype TrackInput = Single(track: Track) | Several(tracks: seq<Track>)

  /**
   * One `QueueUpdate` event on the player's event bus, with its payload
   * (the player and the queue) and the queue's contents as a listener sees
   * them at that moment.
   */
  datatype QueueUpdate = QueueUpdate(player: KazagumoPlayer, queue: KazagumoQueue,
                                     pending: seq<Track>, current: Option<Track>)

  /** The first step of `add`: a bare track is wrapped into a one-element array. */
  function Normalize(input: TrackInput): seq<Track> {
    match input
    case Single(t) => [t]
    case Several(ts) => ts
  }

  class KazagumoQueue {
    /** The player that owns the queue and whose event bus receives its notifications. */
    const player: KazagumoPlayer
    /** The pending tracks: the array the queue is. */
    var pending: seq<Track>
    /** The track now playing, if any. */
    var current: Option<Track>
    /** Tracks played before; kept up to date by the player, never by the queue. */
    var previous: seq<Track>
    /** Every notification sent so far, oldest first. */
    ghost var updates: seq<QueueUpdate>

    constructor (player: KazagumoPlayer)
      ensures this.player == player
      ensures pending == [] && current == None && previous == [] && updates == []
    {
      this.player := player;
      pending := [];
      current := None;
      previous := [];
      updates := [];
    }

    /** The notification a listener receives if one is sent now. */
    ghost function Snapshot(): QueueUpdate
      reads this`pending, this`current
    {
      QueueUpdate(player, this, pending, current)
    }

    /** `size`: the number of pending tracks; the current track is not counted. */
    function Size(): nat
      reads this
    {
      |pending|
    }

    /** `totalSize`: the pending tracks plus the current track, if there is one. */
    function TotalSize(): (n: nat)
      reads this
      ensures Size() <= n <= Size() + 1
      ensures n == Size() + 1 <==> current.Some?
      ensures n == 0 <==> pending == [] && current.None?
    {
      |pending| + (if current.Some? then 1 else 0)
    }

    /** `isEmpty`: no pending track, whether or not a track is playing. */
    function IsEmpty(): (b: bool)
      reads this
      ensures b <==> Size() == 0
      ensures b <==> pending == []
      ensures b ==> TotalSize() <= 1 && DurationLength() == 0
    {
      |pending| == 0
    }

    /** `durationLength`: the sum of the lengths of the pending tracks; the current track's is not included. */
    function DurationLength(): (d: nat)
      reads this
      ensures d == TotalDuration(pending)
      ensures forall i :: 0 <= i < |pending| ==> Duration(pending[i]) <= d
    {
      ElementsWithinTotal(pending);
      SumLengths(pending, 0)
    }

    /** `emitChanges`: one `QueueUpdate` event carrying the queue's present state. */
    method EmitChanges()
      modifies this`updates
      ensures updates == old(updates) + [Snapshot()]
    {
      updates := updates + [Snapshot()];
    }

    /**
     * `add`: with no current track, the first given track becomes the current
     * one (none, for an empty array) and the others are appended; otherwise
     * all of them are appended. Either way exactly one notification follows.
     */
    method Add(input: TrackInput)
      modifies this`pending, this`current, this`updates
      ensures var ts := Normalize(input);
        if old(current).None? then
          current == (if ts == [] then None else Some(ts[0])) &&
          pending == old(pending) + (if ts == [] then [] else ts[1..])
        else
          current == old(current) && pending == old(pending) + ts
      ensures TotalSize() == old(TotalSize()) + |Normalize(input)|
      ensures old(current).Some? ==> DurationLength() == old(DurationLength()) + TotalDuration(Normalize(input))
      ensures updates == old(updates) + [Snapshot()]
    {
      var tracks := Normalize(input);
      if current.None? {
        // `track.shift()`: take the head off the array, or nothing from an empty one
        if tracks == [] {
          current := None;
        } else {
          current := Some(tracks[0]);
          tracks := tracks[1..];
        }
      }
      ghost var before := pending;
      for k := 0 to |tracks|
        modifies this`pending
        invariant pending == before + tracks[..k]
      {
        pending := pending + [tracks[k]];
      }
      assert tracks[..|tracks|] == tracks;
      TotalDurationAppend(before, tracks);
      EmitChanges();
    }

    /**
     * `addAt`: insert `track` so that it ends up at index `position`, which
     * must lie in [0, size]; otherwise throw error code 1 and change nothing.
     */
    method AddAt(track: Track, position: int) returns (r: Outcome)
      modifies this`pending, this`updates
      ensures r.Thrown? <==> position < 0 || position > |old(pending)|
      ensures r.Thrown? ==>
        r.error == KazagumoError(INVALID_POSITION, AddAtRange(position, |old(pending)|)) &&
        pending == old(pending) && updates == old(updates)
      ensures r.Returned? ==>
        pending == old(pending)[..position] + [track] + old(pending)[position..] &&
        pending[position] == track &&
        Size() == old(Size()) + 1 &&
        DurationLength() == old(DurationLength()) + Duration(track) &&
        updates == old(updates) + [Snapshot()]
    {
      if position < 0 || position > |pending| {
        return Thrown(KazagumoError(INVALID_POSITION, AddAtRange(position, |pending|)));
      }
      TotalDurationInsert(pending, position, track);
      pending := pending[..position] + [track] + pending[position..];
      EmitChanges();
      r := Returned;
    }

    /**
     * `remove`: delete the track at index `position`, which must lie in
     * [0, size - 1]; otherwise throw error code 1 and change nothing.
     */
    method Remove(position: int) returns (r: Outcome)
      modifies this`pending, this`updates
      ensures r.Thrown? <==> position < 0 || position >= |old(pending)|
      ensures r.Thrown? ==>
        r.error == KazagumoError(INVALID_POSITION, RemoveRange(|old(pending)| - 1)) &&
        pending == old(pending) && updates == old(updates)
      ensures r.Returned? ==>
        pending == old(pending)[..position] + old(pending)[position + 1..] &&
        Size() == old(Size()) - 1 &&
        DurationLength() + Duration(old(pending)[position]) == old(DurationLength()) &&
        updates == old(updates) + [Snapshot()]
    {
      if position < 0 || position >= |pending| {
        return Thrown(KazagumoError(INVALID_POSITION, RemoveRange(|pending| - 1)));
      }
      TotalDurationRemove(pending, position);
      pending := pending[..position] + pending[position + 1..];
      EmitChanges();
      r := Returned;
    }

    /**
     * `shuffle`: the Fisher-Yates pass from the last index down to 1, where
     * `random(i)` is the draw of `Math.random()` taken at index `i`. The
     * result is a permutation of the pending tracks, and one notification
     * follows even when there was nothing to reorder.
     */
    method Shuffle(random: nat -> real)
      requires forall k: nat :: 0.0 <= random(k) < 1.0
      modifies this`pending, this`updates
      ensures pending == Shuffled(old(pending), random, |old(pending)| - 1)
      ensures |pending| == |old(pending)| && multiset(pending) == multiset(old(pending))
      ensures DurationLength() == old(DurationLength())
      ensures updates == old(updates) + [Snapshot()]
    {
      ghost var goal := Shuffled(pending, random, |pending| - 1);
      ShuffledIsPermutation(pending, random, |pending| - 1);
      var i := |pending| - 1;
      while i > 0
        modifies this`pending
        invariant i < |pending| == |old(pending)|
        invariant Shuffled(pending, random, i) == goal
        decreases i
      {
        ghost var unswapped := pending;
        var j := SwapIndex(random(i), i);
        pending := Swap(pending, i, j);
        assert Shuffled(unswapped, random, i) == Shuffled(pending, random, i - 1);
        i := i - 1;
      }
      assert pending == goal;
      TotalDurationPermutation(pending, old(pending));
      EmitChanges();
    }

    /** `clear`: drop every pending track; the current track and the history stay. */
    method Clear()
      modifies this`pending, this`updates
      ensures pending == [] && IsEmpty() && DurationLength() == 0
      ensures TotalSize() == if current.Some? then 1 else 0
      ensures updates == old(updates) + [Snapshot()]
    {
      pending := pending[..0];
      EmitChanges();
    }
  }

  /** `forall`-form of `ElementWithinTotal`, for the contract of `DurationLength`. */
  lemma {:induction false} ElementsWithinTotal(s: seq<Track>)
    ensures forall i :: 0 <= i < |s| ==> Duration(s[i]) <= TotalDuration(s)
  {
    forall i | 0 <= i < |s| ensures Duration(s[i]) <= TotalDuration(s) {
      ElementWithinTotal(s, i);
    }
  }

  /** `remove(p)` undoes `addAt(t, p)`: the pending tracks are back as they were. */
  lemma RemoveUndoesAddAt(s: seq<Track>, t: Track, p: int)
    requires 0 <= p <= |s|
    ensures var inserted := s[..p] + [t] + s[p..];
      inserted[p] == t && inserted[..p] + inserted[p + 1..] == s
  {
  }
}
