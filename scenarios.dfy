/** Callers of the queue, showing what its contracts let them conclude. */
module Scenarios {
  import opened Wrappers
  import opened Tracks
  import opened Queue

  /** Adding an array to a fresh queue: the head plays, the rest waits in order. */
  method AddSeveralToEmpty(player: KazagumoPlayer, a: Track, b: Track, c: Track) returns (q: KazagumoQueue)
    ensures fresh(q)
    ensures q.current == Some(a) && q.pending == [b, c] && |q.updates| == 1
  {
    q := new KazagumoQueue(player);
    q.Add(Several([a, b, c]));
    assert [a, b, c][1..] == [b, c];
  }

  /** Adding a bare track to a fresh queue makes it current and still notifies. */
  method AddSingleToEmpty(player: KazagumoPlayer, t: Track) returns (q: KazagumoQueue)
    ensures q.current == Some(t) && q.pending == [] && |q.updates| == 1
    ensures q.updates[0].current == Some(t) && q.updates[0].pending == []
  {
    q := new KazagumoQueue(player);
    q.Add(Single(t));
  }

  /** Inserting in the middle, then an out-of-range removal that changes nothing. */
  method InsertThenRemoveOutOfRange(player: KazagumoPlayer, a: Track, b: Track, c: Track, x: Track)
    returns (q: KazagumoQueue, r: Outcome)
    ensures q.current == Some(a) && q.pending == [b, x, c] && |q.updates| == 2
    ensures r == Thrown(KazagumoError(INVALID_POSITION, RemoveRange(2)))
  {
    q := AddSeveralToEmpty(player, a, b, c);
    r := q.AddAt(x, 1);
    assert [b, c][..1] + [x] + [b, c][1..] == [b, x, c];
    r := q.Remove(5);
  }

  /** The queue's duration counts the pending tracks only. */
  method DurationOfPending(player: KazagumoPlayer) returns (q: KazagumoQueue)
    ensures q.DurationLength() == 3000 && q.TotalSize() == 3
  {
    var a := Track(0, None);
    var b := Track(1, Some(1000));
    var c := Track(2, Some(2000));
    q := AddSeveralToEmpty(player, a, b, c);
    assert TotalDuration([b, c]) == 3000 by {
      assert [b, c][1..] == [c];
      assert [c][1..] == [];
      assert TotalDuration([c]) == 2000;
    }
  }

  /** `addAt(t, p)` followed by `remove(p)` restores the pending tracks and notifies twice. */
  method AddAtThenRemove(q: KazagumoQueue, t: Track, p: int)
    requires 0 <= p <= |q.pending|
    modifies q
    ensures q.pending == old(q.pending) && q.current == old(q.current)
    ensures |q.updates| == |old(q.updates)| + 2
  {
    var r := q.AddAt(t, p);
    RemoveUndoesAddAt(old(q.pending), t, p);
    r := q.Remove(p);
  }
}
